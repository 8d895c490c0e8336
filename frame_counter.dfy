/** The frame counter at the end of `render`: every presented frame is
    counted, and once at least a second has passed since the last title
    update the rate is published and counting starts again. Times are seconds
    as `real`. */
module FrameCounter {

  datatype Counter = Counter(frameCount: nat, fps: real, lastTitleUpdate: real)

  /** A title update is due at `now`. */
  predicate Publishes(c: Counter, now: real)
  {
    now - c.lastTitleUpdate >= 1.0
  }

  /** Frames per second: `frames` presented over `elapsed` seconds. */
  function Rate(frames: nat, elapsed: real): (r: real)
    requires elapsed > 0.0
    ensures frames > 0 ==> r > 0.0
  {
    frames as real / elapsed
  }

  /** One presented frame at time `now`. */
  function CountFrame(c: Counter, now: real): (r: Counter)
    ensures Publishes(c, now) ==> r.frameCount == 0 && r.lastTitleUpdate == now && r.fps > 0.0
    ensures !Publishes(c, now) ==> r == c.(frameCount := c.frameCount + 1)
  {
    var frames := c.frameCount + 1;
    var elapsed := now - c.lastTitleUpdate;
    if elapsed >= 1.0 then Counter(0, Rate(frames, elapsed), now)
    else Counter(frames, c.fps, c.lastTitleUpdate)
  }

  /** The counter after frames presented at the given times, oldest first. */
  function CountFrames(c: Counter, times: seq<real>): Counter
  {
    if times == [] then c else CountFrame(CountFrames(c, times[..|times| - 1]), times[|times| - 1])
  }

  /** Until a second has passed, frames are only counted. */
  lemma {:induction false} CountsUntilASecondPasses(c: Counter, times: seq<real>)
    requires forall k :: 0 <= k < |times| ==> times[k] - c.lastTitleUpdate < 1.0
    ensures CountFrames(c, times) == c.(frameCount := c.frameCount + |times|)
  {
    if times != [] {
      CountsUntilASecondPasses(c, times[..|times| - 1]);
    }
  }

  /** The published rate is the number of frames presented since the previous
      title update, this one included, divided by the time since then. */
  lemma PublishedRateIsFramesOverElapsed(c: Counter, times: seq<real>, now: real)
    requires forall k :: 0 <= k < |times| ==> times[k] - c.lastTitleUpdate < 1.0
    requires now - c.lastTitleUpdate >= 1.0
    ensures CountFrames(c, times + [now]) ==
      Counter(0, Rate(c.frameCount + |times| + 1, now - c.lastTitleUpdate), now)
  {
    var all := times + [now];
    assert all[..|all| - 1] == times && all[|all| - 1] == now;
    CountsUntilASecondPasses(c, times);
  }
}
