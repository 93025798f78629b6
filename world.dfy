/** The simulation half of frame: the clock, the camera position and the tree pool. */
module World {
  import opened Wrappers
  import opened Constants
  import opened Scenery

  /**
   * frame's dt in seconds. `!lastTime` holds both before the first frame (null) and when the
   * previous timestamp was 0; then the previous timestamp is taken to be `time` and dt is 0.
   */
  function FrameDelta(lastTime: Option<real>, time: real): (dt: real)
    ensures lastTime == None ==> dt == 0.0
    ensures lastTime == Some(0.0) ==> dt == 0.0
    ensures lastTime.Some? && lastTime.value != 0.0 ==> dt * 1000.0 == time - lastTime.value
    ensures lastTime.Some? && time >= lastTime.value ==> dt >= 0.0
  {
    var last := if lastTime == None || lastTime.value == 0.0 then time else lastTime.value;
    (time - last) / 1000.0
  }

  /** The world's state between frames. */
  datatype WorldState = WorldState(position: real, lastTime: Option<real>, trees: seq<Tree>)

  /** The state at start-up: camera at 0, no previous frame, the initial pool. */
  function InitialState(): WorldState {
    WorldState(0.0, None, InitialPool())
  }

  /** The world after the frame stamped `time`. */
  function Step(s: WorldState, time: real): (next: WorldState)
    ensures next.lastTime == Some(time)
    ensures s.lastTime == None ==> next.position == s.position
    ensures s.lastTime.Some? && time >= s.lastTime.value ==> next.position >= s.position
    ensures |next.trees| == |s.trees|
  {
    var dt := FrameDelta(s.lastTime, time);
    var position := s.position + Speed * dt;
    WorldState(position, Some(time), Recycle(s.trees, position))
  }

  /** The world after a run of frames stamped `times`, in order. */
  function Run(s: WorldState, times: seq<real>): WorldState
    decreases |times|
  {
    if times == [] then s else Run(Step(s, times[0]), times[1..])
  }

  /** Frame stamps that never go backwards from the last one seen. */
  predicate ClockForward(lastTime: Option<real>, times: seq<real>)
    decreases |times|
  {
    times == []
    || ((lastTime.Some? ==> lastTime.value <= times[0]) && ClockForward(Some(times[0]), times[1..]))
  }

  /** Frame stamps that never go backwards and never let the camera jump more than TreeRecycleDistance. */
  predicate SteadyClock(lastTime: Option<real>, times: seq<real>)
    decreases |times|
  {
    times == []
    || (0.0 <= Speed * FrameDelta(lastTime, times[0]) <= TreeRecycleDistance
        && SteadyClock(Some(times[0]), times[1..]))
  }

  /** The first frame does not move the camera. */
  lemma FirstFrameStandsStill(s: WorldState, time: real)
    requires s.lastTime == None
    ensures Step(s, time).position == s.position
    ensures Step(s, time).lastTime == Some(time)
  {
  }

  /** Over any run of frames the pool keeps its size and every tree its side of the road. */
  lemma {:induction false} RunKeepsPoolShape(s: WorldState, times: seq<real>)
    requires PoolShape(s.trees)
    ensures PoolShape(Run(s, times).trees)
    decreases |times|
  {
    if times != [] {
      RecyclePreservesShape(s.trees, Step(s, times[0]).position);
      RunKeepsPoolShape(Step(s, times[0]), times[1..]);
    }
  }

  /** With a clock that never goes backwards the camera never moves backwards. */
  lemma {:induction false} RunMovesForward(s: WorldState, times: seq<real>)
    requires ClockForward(s.lastTime, times)
    ensures Run(s, times).position >= s.position
    decreases |times|
  {
    if times != [] {
      RunMovesForward(Step(s, times[0]), times[1..]);
    }
  }

  /** With a steady clock, every tree stays in the band ahead of the camera, frame after frame. */
  lemma {:induction false} RunKeepsTreesAhead(s: WorldState, times: seq<real>)
    requires AheadOfCamera(s.trees, s.position)
    requires SteadyClock(s.lastTime, times)
    ensures AheadOfCamera(Run(s, times).trees, Run(s, times).position)
    decreases |times|
  {
    if times != [] {
      var next := Step(s, times[0]);
      RecycleKeepsTreesAhead(s.trees, s.position, next.position);
      RunKeepsTreesAhead(next, times[1..]);
    }
  }

  /** From start-up, under a steady clock, the pool keeps its shape and no tree falls behind the camera. */
  lemma StartUpRun(times: seq<real>)
    requires SteadyClock(None, times)
    ensures PoolShape(Run(InitialState(), times).trees)
    ensures AheadOfCamera(Run(InitialState(), times).trees, Run(InitialState(), times).position)
  {
    InitialPoolShape();
    RunKeepsPoolShape(InitialState(), times);
    RunKeepsTreesAhead(InitialState(), times);
  }

  /** The globals frame updates: camera position, previous timestamp and the tree array. */
  class World {
    var position: real
    var lastTime: Option<real>
    var trees: array<Tree>

    ghost function State(): WorldState
      reads this, trees
    {
      WorldState(position, lastTime, trees[..])
    }

    ghost predicate Valid()
      reads this, trees
    {
      PoolShape(trees[..])
    }

    /** Start-up: the pool of 100 trees 200 units apart on alternating sides, camera at 0. */
    constructor ()
      ensures Valid() && fresh(trees)
      ensures State() == InitialState()
    {
      var pool := new Tree[PoolSize];
      for i := 0 to PoolSize
        invariant forall k :: 0 <= k < i ==> pool[k] == InitialTree(k)
      {
        pool[i] := InitialTree(i);
      }
      assert pool[..] == InitialPool();
      InitialPoolShape();
      trees := pool;
      position := 0.0;
      lastTime := None;
    }

    /** The simulation part of frame(time): dt, the camera advance, then the tree loop. */
    method Tick(time: real) returns (dt: real)
      requires Valid()
      modifies this, trees
      ensures Valid() && trees == old(trees)
      ensures dt == FrameDelta(old(lastTime), time)
      ensures State() == Step(old(State()), time)
    {
      if lastTime == None || lastTime.value == 0.0 {
        lastTime := Some(time);
      }
      dt := (time - lastTime.value) / 1000.0;
      lastTime := Some(time);
      position := position + Speed * dt;
      var pool := trees;
      for i := 0 to pool.Length
        modifies pool
        invariant forall k :: 0 <= k < i ==> pool[k] == RecycleTree(old(pool[k]), position)
        invariant forall k :: i <= k < pool.Length ==> pool[k] == old(pool[k])
      {
        if pool[i].z < position {
          pool[i] := pool[i].(z := pool[i].z + TreeRecycleDistance);
        }
      }
      assert trees[..] == Recycle(old(trees[..]), position);
      RecyclePreservesShape(old(trees[..]), position);
    }
  }
}
