/** The player's car: steering input, the clamp to the road, and where it is drawn. */
module Player {
  import opened Constants
  import opened Canvas

  /** The car's centre x is kept so that the whole car stays on the canvas. */
  const MinX: real := CarWidth / 2.0
  const MaxX: real := VirtualWidth - CarWidth / 2.0
  /** The car is drawn 20 pixels above the canvas bottom. */
  const CarTop: real := VirtualHeight - CarHeight - 20.0

  /** The held keys that steer left ("ArrowLeft" or "a"). */
  predicate TurningLeft(held: set<string>) {
    "ArrowLeft" in held || "a" in held
  }

  /** The held keys that steer right ("ArrowRight" or "d"). */
  predicate TurningRight(held: set<string>) {
    "ArrowRight" in held || "d" in held
  }

  /** handleInput's effect on the car: its new x and the image it shows. */
  function Steer(x: real, dt: real, held: set<string>): (r: (real, CarImage))
    ensures r.1 == Straight <==> !TurningLeft(held) && !TurningRight(held)
    ensures r.1 == Straight ==> r.0 == x
    ensures r.1 == TurnLeft <==> TurningLeft(held)
  {
    if TurningLeft(held) then (x - CarSpeed * dt * 60.0, TurnLeft)
    else if TurningRight(held) then (x + CarSpeed * dt * 60.0, TurnRight)
    else (x, Straight)
  }

  /** clampCarPosition's effect on x. */
  function ClampX(x: real): (r: real)
    ensures MinX <= r <= MaxX
    ensures MinX <= x <= MaxX ==> r == x
  {
    Max(MinX, Min(x, MaxX))
  }

  /** drawCar: the car image, CarWidth by CarHeight, centred on x; nothing until the image has loaded. */
  function CarSprite(x: real, image: CarImage, ready: bool): (cmds: seq<Command>)
    ensures |cmds| == (if ready then 1 else 0)
    ensures forall c :: c in cmds ==>
      c.Sprite? && c.image == image && c.left + c.width / 2.0 == x && c.top + c.height == VirtualHeight - 20.0
  {
    if ready then [Sprite(image, x - CarWidth / 2.0, CarTop, CarWidth, CarHeight)] else []
  }

  /** A sprite lies entirely inside the canvas. */
  predicate OnCanvas(c: Command) {
    c.Sprite? ==>
      0.0 <= c.left && c.left + c.width <= VirtualWidth && 0.0 <= c.top && c.top + c.height <= VirtualHeight
  }

  /** The clamp bounds are 175 and 1105. */
  lemma ClampBounds()
    ensures MinX == 175.0 && MaxX == 1105.0
  {
  }

  /** Clamping twice is clamping once. */
  lemma ClampIdempotent(x: real)
    ensures ClampX(ClampX(x)) == ClampX(x)
  {
  }

  /** The clamp picks the point of [MinX, MaxX] nearest to x, and it preserves order. */
  lemma ClampIsNearest(x: real, y: real)
    ensures MinX <= y <= MaxX ==>
      (if ClampX(x) >= x then ClampX(x) - x else x - ClampX(x)) <= (if y >= x then y - x else x - y)
    ensures x <= y ==> ClampX(x) <= ClampX(y)
  {
  }

  /**
   * Left wins over right; the straight image shows exactly when neither side is held, and then
   * the car does not move; otherwise it moves CarSpeed pixels per sixtieth of a second toward
   * the side shown.
   */
  lemma SteerFollowsKeys(x: real, dt: real, held: set<string>)
    ensures TurningLeft(held) ==> Steer(x, dt, held) == Steer(x, dt, {"ArrowLeft"})
    ensures Steer(x, dt, held).1 == Straight <==> !TurningLeft(held) && !TurningRight(held)
    ensures Steer(x, dt, held).1 == Straight ==> Steer(x, dt, held).0 == x
    ensures Steer(x, dt, held).1 == TurnLeft ==> x - Steer(x, dt, held).0 == 480.0 * dt
    ensures Steer(x, dt, held).1 == TurnRight ==> Steer(x, dt, held).0 - x == 480.0 * dt
  {
  }

  /** A car drawn at a clamped x lies entirely on the canvas. */
  lemma ClampedCarOnCanvas(x: real, image: CarImage, ready: bool)
    ensures forall c :: c in CarSprite(ClampX(x), image, ready) ==> c.Sprite? && OnCanvas(c)
  {
  }

  /** The globals carX and currentCarImage. */
  class Car {
    var x: real
    var image: CarImage

    /** The car starts centred, showing the straight image. */
    constructor ()
      ensures x == VirtualWidth / 2.0 && image == Straight
    {
      x := VirtualWidth / 2.0;
      image := Straight;
    }

    /** handleInput(dt) with the keys currently held. */
    method HandleInput(dt: real, held: set<string>)
      modifies this
      ensures (x, image) == Steer(old(x), dt, held)
    {
      var turningLeft := "ArrowLeft" in held || "a" in held;
      var turningRight := "ArrowRight" in held || "d" in held;
      if turningLeft {
        x := x - CarSpeed * dt * 60.0;
        image := TurnLeft;
      } else if turningRight {
        x := x + CarSpeed * dt * 60.0;
        image := TurnRight;
      } else {
        image := Straight;
      }
    }

    /** clampCarPosition. */
    method ClampPosition()
      modifies this
      ensures x == ClampX(old(x)) && image == old(image)
      ensures MinX <= x <= MaxX
    {
      var minX := CarWidth / 2.0;
      var maxX := VirtualWidth - CarWidth / 2.0;
      x := Max(minX, Min(x, maxX));
    }

    /** drawCar: the car's sprite, if its image has loaded. */
    method DrawCar(ready: bool) returns (cmds: seq<Command>)
      ensures cmds == CarSprite(x, image, ready)
    {
      cmds := [];
      if ready {
        var y := VirtualHeight - CarHeight - 20.0;
        cmds := [Sprite(image, x - CarWidth / 2.0, y, CarWidth, CarHeight)];
      }
    }
  }
}
