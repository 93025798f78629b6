/** frame: one animation tick, simulation then drawing. */
module Game {
  import opened Constants
  import opened Canvas
  import opened Wrappers
  import opened Sequences
  import opened Scenery
  import opened Road
  import opened World
  import opened Player

  /** drawBackground: sky over the top half of the canvas, grass over the bottom half. */
  function Background(): (b: seq<Command>)
    ensures |b| == 2 && b[0].Rect? && b[1].Rect?
    ensures b[0].fill == Sky && b[1].fill == Grass
    ensures b[0].top + b[0].height == b[1].top == VirtualHeight / 2.0
  {
    [ Rect(Sky, 0.0, 0.0, VirtualWidth, VirtualHeight / 2.0),
      Rect(Grass, 0.0, VirtualHeight / 2.0, VirtualWidth, VirtualHeight / 2.0) ]
  }

  /** The sky and the grass each span the full width and meet at the middle line, covering the canvas. */
  lemma BackgroundTilesCanvas()
    ensures var b := Background();
      && |b| == 2 && b[0].Rect? && b[1].Rect?
      && b[0].left == 0.0 && b[1].left == 0.0 && b[0].width == VirtualWidth && b[1].width == VirtualWidth
      && b[0].top == 0.0 && b[0].top + b[0].height == b[1].top && b[1].top + b[1].height == VirtualHeight
      && b[0].fill == Sky && b[1].fill == Grass
  {
  }

  /**
   * frame(time) with the keys held at that moment, the order drawTrees' sort puts the pool in, and
   * whether the car image has loaded: the world ticks, the car is clamped, the canvas is cleared and
   * the background, the trees, the road and the car are drawn in that order, and last the input steers the car for the next frame.
   */
  method Frame(world: World, car: Car, time: real, held: set<string>, treeOrder: seq<int>, carReady: bool)
    returns (cmds: seq<Command>)
    requires world.Valid()
    requires IsPermutation(treeOrder, PoolSize)
    modifies world, world.trees, car
    ensures world.Valid() && world.trees == old(world.trees)
    ensures world.State() == Step(old(world.State()), time)
    ensures forall i :: 0 <= i < |treeOrder| ==> 0 <= treeOrder[i] < world.trees.Length
    ensures cmds ==
      [Clear] + Background()
      + TreeImages(Reorder(world.trees[..], treeOrder), world.position)
      + Paint(VisibleSegments(world.position))
      + CarSprite(ClampX(old(car.x)), old(car.image), carReady)
    ensures carReady ==> cmds[|cmds| - 1].Sprite? && OnCanvas(cmds[|cmds| - 1])
    ensures (car.x, car.image) == Steer(ClampX(old(car.x)), FrameDelta(old(world.lastTime), time), held)
  {
    var dt := world.Tick(time);
    car.ClampPosition();
    PermutationKeepsElements(world.trees[..], treeOrder);
    var sortedTrees := Reorder(world.trees[..], treeOrder);
    var scenery := DrawTrees(sortedTrees, world.position);
    var road := DrawRoad(world.position);
    var sprite := car.DrawCar(carReady);
    ClampedCarOnCanvas(old(car.x), car.image, carReady);
    cmds := [Clear] + Background() + scenery + road + sprite;
    car.HandleInput(dt, held);
  }

  /**
   * Whatever order the sort picks, the tree images a frame draws are exactly the placements of the
   * pool trees in front of the camera (as a set: how often each image is drawn is not stated).
   */
  lemma FrameDrawsTreesAhead(trees: seq<Tree>, treeOrder: seq<int>, position: real, c: Command)
    requires IsPermutation(treeOrder, |trees|)
    ensures forall i :: 0 <= i < |treeOrder| ==> 0 <= treeOrder[i] < |trees|
    ensures c in TreeImages(Reorder(trees, treeOrder), position) <==>
      exists t :: t in trees && t.z > position && PlaceTree(t, position) == Some(c)
  {
    PermutationKeepsElements(trees, treeOrder);
    TreeImagesIgnoreOrder(Reorder(trees, treeOrder), trees, position);
    TreeImagesAreTreesAhead(trees, position, c);
  }
}
